/** The bar-by-bar backtest walk (services/backtest/engine.py, `run_backtest`). */
module Backtest {
  import opened Prelude
  import MarketStructure

  datatype ExitReason = StopExit | TargetExit | BosExit | SafetyExit

  datatype Exit = Exit(reason: ExitReason, price: real, idx: nat)

  /** `price` is at least as good for the position as `limit`. */
  predicate NotWorse(d: Direction, price: real, limit: real) {
    if d == Long then price >= limit else price <= limit
  }

  function Sign(d: Direction): real {
    if d == Long then 1.0 else -1.0
  }

  predicate StopHit(d: Direction, bar: Candle, sl: real) {
    if d == Long then bar.low <= sl else bar.high >= sl
  }

  predicate TargetHit(d: Direction, bar: Candle, tp: real) {
    if d == Long then bar.high >= tp else bar.low <= tp
  }

  // ---------- trendline management: no target, a trailing safety line ----------

  predicate BeyondLine(d: Direction, close: real, safety: real) {
    if d == Long then close < safety else close > safety
  }

  function Trail(d: Direction, sl: real, safety: real, buffer: real): real {
    var candidate := if d == Long then safety - buffer else safety + buffer;
    if (if d == Long then candidate > sl else candidate < sl) then candidate else sl
  }

  /** `lines[j]` is the safety value at bar `j`, if there is a line. */
  function LineWalk(d: Direction, sl: real, bars: seq<Candle>, lines: seq<Option<real>>, buffer: real, j: nat): Option<Exit>
    requires |lines| == |bars| && j <= |bars|
    decreases |bars| - j
  {
    if j == |bars| then None
    else if StopHit(d, bars[j], sl) then Some(Exit(StopExit, sl, j))
    else if lines[j].None? then LineWalk(d, sl, bars, lines, buffer, j + 1)
    else if BeyondLine(d, bars[j].close, lines[j].value) then Some(Exit(SafetyExit, bars[j].close, j))
    else LineWalk(d, Trail(d, sl, lines[j].value, buffer), bars, lines, buffer, j + 1)
  }

  method WalkLine(d: Direction, sl0: real, bars: seq<Candle>, lines: seq<Option<real>>, buffer: real, first: nat)
    returns (exit: Option<Exit>)
    requires |lines| == |bars| && first <= |bars|
    ensures exit == LineWalk(d, sl0, bars, lines, buffer, first)
  {
    var sl := sl0;
    for j := first to |bars|
      invariant LineWalk(d, sl0, bars, lines, buffer, first) == LineWalk(d, sl, bars, lines, buffer, j)
    {
      var bar := bars[j];
      if d == Long && bar.low <= sl {
        return Some(Exit(StopExit, sl, j));
      }
      if d == Short && bar.high >= sl {
        return Some(Exit(StopExit, sl, j));
      }
      if lines[j].Some? {
        var safety := lines[j].value;
        if d == Long && bar.close < safety {
          return Some(Exit(SafetyExit, bar.close, j));
        }
        if d == Short && bar.close > safety {
          return Some(Exit(SafetyExit, bar.close, j));
        }
        var candidate := if d == Long then safety - buffer else safety + buffer;
        if (d == Long && candidate > sl) || (d == Short && candidate < sl) {
          sl := candidate;
        }
      }
    }
    return None;
  }

  // ---------- bracket management: stop, target, breakeven, opposite structure break ----------

  datatype Bracket = Bracket(entry: real, risk: real, tp: real, breakevenAtR: real, bosIdx: Option<nat>)

  predicate ReachesBreakeven(d: Direction, b: Bracket, bar: Candle) {
    b.breakevenAtR != 0.0
    && (if d == Long then bar.high >= b.entry + b.breakevenAtR * b.risk else bar.low <= b.entry - b.breakevenAtR * b.risk)
  }

  function BosPrice(d: Direction, b: Bracket, close: real, breakeven: bool): real {
    if !breakeven then close else if d == Long then Max(close, b.entry) else Min(close, b.entry)
  }

  /** Within one bar the stop is assumed to be hit before the target. */
  function BracketWalk(d: Direction, b: Bracket, sl: real, breakeven: bool, bars: seq<Candle>, j: nat): Option<Exit>
    requires j <= |bars|
    decreases |bars| - j
  {
    if j == |bars| then None
    else if StopHit(d, bars[j], sl) then Some(Exit(StopExit, sl, j))
    else if TargetHit(d, bars[j], b.tp) then Some(Exit(TargetExit, b.tp, j))
    else if b.bosIdx == Some(j) then Some(Exit(BosExit, BosPrice(d, b, bars[j].close, breakeven), j))
    else if !breakeven && ReachesBreakeven(d, b, bars[j]) then BracketWalk(d, b, b.entry, true, bars, j + 1)
    else BracketWalk(d, b, sl, breakeven, bars, j + 1)
  }

  method WalkBracket(d: Direction, b: Bracket, sl0: real, bars: seq<Candle>, first: nat) returns (exit: Option<Exit>)
    requires first <= |bars|
    ensures exit == BracketWalk(d, b, sl0, false, bars, first)
  {
    hide ReachesBreakeven, BosPrice;
    var sl, breakeven := sl0, false;
    for j := first to |bars|
      invariant BracketWalk(d, b, sl0, false, bars, first) == BracketWalk(d, b, sl, breakeven, bars, j)
    {
      var bar := bars[j];
      if d == Long {
        if bar.low <= sl {
          return Some(Exit(StopExit, sl, j));
        }
        if bar.high >= b.tp {
          return Some(Exit(TargetExit, b.tp, j));
        }
      } else {
        if bar.high >= sl {
          return Some(Exit(StopExit, sl, j));
        }
        if bar.low <= b.tp {
          return Some(Exit(TargetExit, b.tp, j));
        }
      }
      if b.bosIdx == Some(j) {
        return Some(Exit(BosExit, BosPrice(d, b, bar.close, breakeven), j));
      }
      if !breakeven && ReachesBreakeven(d, b, bar) {
        sl, breakeven := b.entry, true;
      }
    }
    return None;
  }

  // ---------- no exit is worse than the initial stop ----------

  lemma {:induction false} LineExitNotWorse(d: Direction, sl0: real, sl: real, bars: seq<Candle>, lines: seq<Option<real>>,
                                            buffer: real, j: nat)
    requires ValidCandles(bars) && |lines| == |bars| && j <= |bars| && NotWorse(d, sl, sl0)
    ensures var exit := LineWalk(d, sl, bars, lines, buffer, j); exit.Some? ==> NotWorse(d, exit.value.price, sl0)
    decreases |bars| - j
  {
    if j < |bars| && !StopHit(d, bars[j], sl) {
      assert ValidCandle(bars[j]);
      if lines[j].None? {
        LineExitNotWorse(d, sl0, sl, bars, lines, buffer, j + 1);
      } else if !BeyondLine(d, bars[j].close, lines[j].value) {
        LineExitNotWorse(d, sl0, Trail(d, sl, lines[j].value, buffer), bars, lines, buffer, j + 1);
      }
    }
  }

  lemma {:induction false} BracketExitNotWorse(d: Direction, b: Bracket, sl0: real, sl: real, breakeven: bool,
                                               bars: seq<Candle>, j: nat)
    requires ValidCandles(bars) && j <= |bars|
    requires NotWorse(d, sl, sl0) && NotWorse(d, b.entry, sl0) && NotWorse(d, b.tp, sl0)
    ensures var exit := BracketWalk(d, b, sl, breakeven, bars, j); exit.Some? ==> NotWorse(d, exit.value.price, sl0)
    decreases |bars| - j
  {
    hide ReachesBreakeven;
    if j < |bars| {
      assert ValidCandle(bars[j]);
      BracketExitNotWorse(d, b, sl0, sl, breakeven, bars, j + 1);
      BracketExitNotWorse(d, b, sl0, b.entry, true, bars, j + 1);
    }
  }

  /** An entry that opens beyond its own stop leaves at that stop on the first bar. */
  lemma GapEntryStopsAtOnce(d: Direction, b: Bracket, sl: real, bars: seq<Candle>, lines: seq<Option<real>>, buffer: real, j: nat)
    requires ValidCandles(bars) && |lines| == |bars| && j < |bars| && bars[j].open == b.entry && NotWorse(d, sl, b.entry)
    ensures BracketWalk(d, b, sl, false, bars, j) == Some(Exit(StopExit, sl, j))
    ensures LineWalk(d, sl, bars, lines, buffer, j) == Some(Exit(StopExit, sl, j))
  {
    assert ValidCandle(bars[j]);
  }

  /** The exit loses no more than the distance from entry to initial stop. */
  predicate WithinRisk(d: Direction, entry: real, sl: real, exit: Option<Exit>) {
    exit.Some? ==> Sign(d) * (exit.value.price - entry) >= -Abs(entry - sl)
  }

  lemma BracketWithinRisk(d: Direction, b: Bracket, sl: real, bars: seq<Candle>, j: nat)
    requires ValidCandles(bars) && j < |bars| && bars[j].open == b.entry
    requires NotWorse(d, b.tp, sl) || NotWorse(d, sl, b.entry)
    ensures WithinRisk(d, b.entry, sl, BracketWalk(d, b, sl, false, bars, j))
  {
    hide BracketWalk;
    if NotWorse(d, sl, b.entry) {
      GapEntryStopsAtOnce(d, b, sl, bars, seq(|bars|, _ => None), 0.0, j);
    } else {
      BracketExitNotWorse(d, b, sl, sl, false, bars, j);
    }
  }

  lemma LineWithinRisk(d: Direction, entry: real, sl: real, bars: seq<Candle>, lines: seq<Option<real>>, buffer: real, j: nat)
    requires ValidCandles(bars) && |lines| == |bars| && j < |bars| && bars[j].open == entry
    ensures WithinRisk(d, entry, sl, LineWalk(d, sl, bars, lines, buffer, j))
  {
    hide LineWalk;
    if NotWorse(d, sl, entry) {
      GapEntryStopsAtOnce(d, Bracket(entry, 0.0, 0.0, 0.0, None), sl, bars, lines, buffer, j);
    } else {
      LineExitNotWorse(d, sl, sl, bars, lines, buffer, j);
    }
  }

  /** Under bracket management the loss stays within the risk on every bar series exactly when the
      target is not beyond the stop on the losing side (or the entry itself already is). */
  lemma BracketBudgetIff(d: Direction, b: Bracket, sl: real)
    requires b.entry > 0.0
    ensures (forall bars: seq<Candle> | ValidCandles(bars) && bars != [] && bars[0].open == b.entry ::
               WithinRisk(d, b.entry, sl, BracketWalk(d, b, sl, false, bars, 0)))
            <==> NotWorse(d, b.tp, sl) || NotWorse(d, sl, b.entry)
  {
    if NotWorse(d, b.tp, sl) || NotWorse(d, sl, b.entry) {
      forall bars: seq<Candle> | ValidCandles(bars) && bars != [] && bars[0].open == b.entry
        ensures WithinRisk(d, b.entry, sl, BracketWalk(d, b, sl, false, bars, 0))
      {
        BracketWithinRisk(d, b, sl, bars, 0);
      }
    } else {
      var bars := [Candle(0, b.entry, b.entry, b.entry, b.entry)];
      assert ValidCandles(bars) && bars[0].open == b.entry;
      assert BracketWalk(d, b, sl, false, bars, 0) == Some(Exit(TargetExit, b.tp, 0));
    }
  }

  // ---------- money ----------

  function Volume(riskAmount: real, riskPerUnit: real, contractSize: real): real
    requires riskPerUnit > 0.0 && contractSize > 0.0
  {
    assert riskPerUnit * contractSize > 0.0;
    riskAmount / (riskPerUnit * contractSize)
  }

  function Profit(d: Direction, entry: real, exit: real, contractSize: real, volume: real): real {
    Sign(d) * (exit - entry) * contractSize * volume
  }

  lemma ProfitInRisk(move: real, risk: real, contractSize: real, volume: real, riskAmount: real)
    requires volume * (risk * contractSize) == riskAmount && volume >= 0.0 && contractSize > 0.0 && move >= -risk
    ensures move * contractSize * volume >= -riskAmount
  {
    var k := contractSize * volume;
    assert k >= 0.0;
    assert move * contractSize * volume == move * k;
    assert volume * (risk * contractSize) == risk * k;
    assert (move + risk) * k >= 0.0;
    assert (move + risk) * k == move * k + risk * k;
  }

  lemma LossWithinBudget(d: Direction, entry: real, exit: real, riskPerUnit: real, contractSize: real, riskAmount: real)
    requires riskPerUnit > 0.0 && contractSize > 0.0 && riskAmount >= 0.0
    requires Sign(d) * (exit - entry) >= -riskPerUnit
    ensures Profit(d, entry, exit, contractSize, Volume(riskAmount, riskPerUnit, contractSize)) >= -riskAmount
  {
    var v, u := Volume(riskAmount, riskPerUnit, contractSize), riskPerUnit * contractSize;
    assert u > 0.0;
    assert v * u == riskAmount;
    assert v < 0.0 ==> v * u < 0.0;
    ProfitInRisk(Sign(d) * (exit - entry), riskPerUnit, contractSize, v, riskAmount);
  }

  // ---------- the run ----------

  datatype SimSignal = SimSignal(time: int, direction: Direction, sl: Option<real>, tp: Option<real>)

  /** `Lines` carries, for each direction, the safety value at every bar. */
  datatype Style =
    | Brackets(breakevenAtR: real, exitOnBos: bool)
    | Lines(buffer: real, support: seq<Option<real>>, resistance: seq<Option<real>>)

  datatype Setup = Setup(style: Style, bars: seq<Candle>, riskPercent: real, contractSize: real) {
    ghost predicate Valid() {
      contractSize > 0.0 && (style.Lines? ==> |style.support| == |style.resistance| == |bars|)
    }
  }

  datatype Trade = Trade(direction: Direction, entryIdx: nat, entry: real, exit: Exit, riskAmount: real, pnl: real)

  const FLOOR_MULT := 0.25

  /** The last bar with the given time. */
  function IndexOf(bars: seq<Candle>, time: int): (r: Option<nat>)
    ensures r.Some? ==> r.value < |bars| && bars[r.value].time == time
  {
    if bars == [] then None
    else if bars[|bars| - 1].time == time then Some(|bars| - 1)
    else IndexOf(bars[..|bars| - 1], time)
  }

  function OrZero(x: Option<real>): real {
    if x.Some? then x.value else 0.0
  }

  /** Whether the signal can be simulated at all, and from which bar. */
  function EntryOf(s: Setup, signal: SimSignal): (r: Option<nat>)
    ensures r.Some? ==> r.value < |s.bars|
  {
    var i := IndexOf(s.bars, signal.time);
    if i.None? || i.value + 1 >= |s.bars| || OrZero(signal.sl) <= 0.0
       || (s.style.Brackets? && OrZero(signal.tp) <= 0.0)
       || s.bars[i.value + 1].open == OrZero(signal.sl)
    then None else Some(i.value + 1)
  }

  /** The structure break against the trade, searched from its entry bar. */
  function BosFrom(s: Setup, d: Direction, entry: nat): Result<Option<nat>>
    requires entry < |s.bars|
  {
    if s.style.Brackets? && s.style.exitOnBos then
      match MarketStructure.OppositeBos(s.bars[entry..], d, FLOOR_MULT)
      case Raised(e) => Raised(e)
      case Success(r) => Success(if r.Some? then Some(entry + r.value) else None)
    else Success(None)
  }

  function ExitFrom(s: Setup, signal: SimSignal, entry: nat, bosIdx: Option<nat>): Option<Exit>
    requires s.Valid() && entry < |s.bars|
  {
    var px, sl := s.bars[entry].open, OrZero(signal.sl);
    match s.style
    case Lines(buffer, support, resistance) =>
      LineWalk(signal.direction, sl, s.bars, if signal.direction == Long then support else resistance, buffer, entry)
    case Brackets(breakevenAtR, _) =>
      BracketWalk(signal.direction, Bracket(px, Abs(px - sl), OrZero(signal.tp), breakevenAtR, bosIdx), sl, false, s.bars, entry)
  }

  function TradeFrom(s: Setup, signal: SimSignal, entry: nat, exit: Exit, equity: real): Trade
    requires s.Valid() && entry < |s.bars| && s.bars[entry].open != OrZero(signal.sl)
  {
    var px := s.bars[entry].open;
    var riskAmount := equity * (s.riskPercent / 100.0);
    var volume := Volume(riskAmount, Abs(px - OrZero(signal.sl)), s.contractSize);
    Trade(signal.direction, entry, px, exit, riskAmount, Profit(signal.direction, px, exit.price, s.contractSize, volume))
  }

  /** Simulate one signal: no entry, no exit within the sample, or a trade. */
  function Simulate(s: Setup, signal: SimSignal, equity: real): Result<Option<Trade>>
    requires s.Valid()
  {
    var entry := EntryOf(s, signal);
    if entry.None? then Success(None)
    else
      match BosFrom(s, signal.direction, entry.value)
      case Raised(e) => Raised(e)
      case Success(bosIdx) =>
        var exit := ExitFrom(s, signal, entry.value, bosIdx);
        Success(if exit.None? then None else Some(TradeFrom(s, signal, entry.value, exit.value, equity)))
  }

  /** The trades of a run over the first `n` signals: the position is never cleared after its
      close, so the first trade is the only one. */
  function TradesBelow(s: Setup, signals: seq<SimSignal>, equity: real, n: nat): Result<seq<Trade>>
    requires s.Valid() && n <= |signals|
  {
    if n == 0 then Success([])
    else
      match TradesBelow(s, signals, equity, n - 1)
      case Raised(e) => Raised(e)
      case Success(trades) =>
        if trades != [] then Success(trades)
        else
          match Simulate(s, signals[n - 1], equity)
          case Raised(e) => Raised(e)
          case Success(t) => Success(if t.Some? then [t.value] else [])
  }

  function TotalPnl(trades: seq<Trade>): real {
    if trades == [] then 0.0 else TotalPnl(trades[..|trades| - 1]) + trades[|trades| - 1].pnl
  }

  method RunBacktest(s: Setup, signals: seq<SimSignal>, initialEquity: real) returns (r: Result<(real, seq<Trade>)>)
    requires s.Valid()
    ensures r == if |s.bars| < 50 then Raised(ValueError)
                 else match TradesBelow(s, signals, initialEquity, |signals|)
                   case Raised(e) => Raised(e)
                   case Success(trades) => Success((initialEquity + (if trades == [] then 0.0 else trades[0].pnl), trades))
  {
    if |s.bars| < 50 {
      return Raised(ValueError);
    }
    hide EntryOf, LineWalk, BracketWalk, MarketStructure.OppositeBos, Volume, Profit, TradeFrom;
    var equity := initialEquity;
    var trades: seq<Trade> := [];
    for k := 0 to |signals|
      invariant TradesBelow(s, signals, initialEquity, k) == Success(trades)
      invariant |trades| <= 1 && equity == initialEquity + (if trades == [] then 0.0 else trades[0].pnl)
    {
      if trades == [] {
        var outcome := SimulateSignal(s, signals[k], equity);
        if outcome.Raised? {
          RaisedStays(s, signals, initialEquity, k + 1);
          return Raised(outcome.error);
        }
        if outcome.value.Some? {
          trades := [outcome.value.value];
          equity := equity + outcome.value.value.pnl;
        }
      }
    }
    return Success((equity, trades));
  }

  lemma OneTrade(t: Trade)
    ensures TotalPnl([t]) == t.pnl
  {
    assert [t][..0] == [];
  }

  lemma {:induction false} RaisedStays(s: Setup, signals: seq<SimSignal>, equity: real, n: nat)
    requires s.Valid() && n <= |signals| && TradesBelow(s, signals, equity, n).Raised?
    ensures TradesBelow(s, signals, equity, |signals|) == Raised(TradesBelow(s, signals, equity, n).error)
    decreases |signals| - n
  {
    hide Simulate;
    if n < |signals| {
      RaisedStays(s, signals, equity, n + 1);
    }
  }

  method SimulateSignal(s: Setup, signal: SimSignal, equity: real) returns (r: Result<Option<Trade>>)
    requires s.Valid()
    ensures r == Simulate(s, signal, equity)
  {
    hide LineWalk, BracketWalk, Volume, Profit, MarketStructure.OppositeBos;
    var entry := EntryOf(s, signal);
    if entry.None? {
      return Success(None);
    }
    var i, d := entry.value, signal.direction;
    var bosIdx: Option<nat> := None;
    if s.style.Brackets? && s.style.exitOnBos {
      var rel := MarketStructure.DetectOppositeBos(s.bars[i..], d, FLOOR_MULT);
      if rel.Raised? {
        return Raised(rel.error);
      }
      bosIdx := if rel.value.Some? then Some(i + rel.value.value) else None;
    }
    var px, sl := s.bars[i].open, OrZero(signal.sl);
    var exit: Option<Exit>;
    match s.style {
      case Lines(buffer, support, resistance) =>
        exit := WalkLine(d, sl, s.bars, if d == Long then support else resistance, buffer, i);
      case Brackets(breakevenAtR, _) =>
        exit := WalkBracket(d, Bracket(px, Abs(px - sl), OrZero(signal.tp), breakevenAtR, bosIdx), sl, s.bars, i);
    }
    if exit.None? {
      return Success(None);
    }
    return Success(Some(TradeFrom(s, signal, i, exit.value, equity)));
  }

  /** Under bracket management, the signal's target is not beyond its stop on the losing side. */
  predicate TargetSound(s: Setup, signal: SimSignal) {
    s.style.Brackets? ==> NotWorse(signal.direction, OrZero(signal.tp), OrZero(signal.sl))
  }

  /** No simulated trade loses more than its risk budget. */
  lemma TradeWithinBudget(s: Setup, signal: SimSignal, equity: real)
    requires s.Valid() && ValidCandles(s.bars) && TargetSound(s, signal) && equity * (s.riskPercent / 100.0) >= 0.0
    ensures match Simulate(s, signal, equity)
      case Success(Some(t)) => t.pnl >= -t.riskAmount && t.riskAmount == equity * (s.riskPercent / 100.0)
      case _ => true
  {
    hide LineWalk, BracketWalk, Volume, Profit, MarketStructure.OppositeBos, WithinRisk;
    var entry := EntryOf(s, signal);
    if entry.Some? {
      var bos := BosFrom(s, signal.direction, entry.value);
      if bos.Success? {
        ExitWithinRisk(s, signal, entry.value, bos.value);
        var exit := ExitFrom(s, signal, entry.value, bos.value);
        if exit.Some? {
          TradePnl(s, signal, entry.value, exit.value, equity);
        }
      }
    }
  }

  lemma ExitWithinRisk(s: Setup, signal: SimSignal, entry: nat, bosIdx: Option<nat>)
    requires s.Valid() && ValidCandles(s.bars) && TargetSound(s, signal) && entry < |s.bars|
    ensures WithinRisk(signal.direction, s.bars[entry].open, OrZero(signal.sl), ExitFrom(s, signal, entry, bosIdx))
  {
    hide LineWalk, BracketWalk, WithinRisk;
    var px, sl, d := s.bars[entry].open, OrZero(signal.sl), signal.direction;
    match s.style
    case Lines(buffer, support, resistance) =>
      LineWithinRisk(d, px, sl, s.bars, if d == Long then support else resistance, buffer, entry);
    case Brackets(breakevenAtR, _) =>
      BracketWithinRisk(d, Bracket(px, Abs(px - sl), OrZero(signal.tp), breakevenAtR, bosIdx), sl, s.bars, entry);
  }

  lemma TradePnl(s: Setup, signal: SimSignal, entry: nat, exit: Exit, equity: real)
    requires s.Valid() && entry < |s.bars| && s.bars[entry].open != OrZero(signal.sl)
    requires WithinRisk(signal.direction, s.bars[entry].open, OrZero(signal.sl), Some(exit))
    requires equity * (s.riskPercent / 100.0) >= 0.0
    ensures TradeFrom(s, signal, entry, exit, equity).pnl >= -(equity * (s.riskPercent / 100.0))
  {
    var px, sl := s.bars[entry].open, OrZero(signal.sl);
    var riskAmount, riskPerUnit := equity * (s.riskPercent / 100.0), Abs(px - sl);
    LossWithinBudget(signal.direction, px, exit.price, riskPerUnit, s.contractSize, riskAmount);
  }

  /** A whole run holds at most one trade and never loses more than one risk budget. */
  lemma RunWithinBudget(s: Setup, signals: seq<SimSignal>, equity: real)
    requires s.Valid() && ValidCandles(s.bars) && equity * (s.riskPercent / 100.0) >= 0.0
    requires forall k :: 0 <= k < |signals| ==> TargetSound(s, signals[k])
    ensures match TradesBelow(s, signals, equity, |signals|)
      case Success(trades) => |trades| <= 1 && equity + TotalPnl(trades) >= equity - equity * (s.riskPercent / 100.0)
      case Raised(_) => true
  {
    hide TotalPnl;
    RunBelow(s, signals, equity, |signals|);
  }

  lemma {:induction false} RunBelow(s: Setup, signals: seq<SimSignal>, equity: real, n: nat)
    requires s.Valid() && ValidCandles(s.bars) && equity * (s.riskPercent / 100.0) >= 0.0 && n <= |signals|
    requires forall k :: 0 <= k < n ==> TargetSound(s, signals[k])
    ensures match TradesBelow(s, signals, equity, n)
      case Success(trades) => |trades| <= 1 && TotalPnl(trades) >= -(equity * (s.riskPercent / 100.0))
      case Raised(_) => true
  {
    hide Simulate, TargetSound;
    if n > 0 {
      RunBelow(s, signals, equity, n - 1);
      TradeWithinBudget(s, signals[n - 1], equity);
      var t := Simulate(s, signals[n - 1], equity);
      if t.Success? && t.value.Some? {
        OneTrade(t.value.value);
      }
    }
  }
}
